/** `RateLimiter` from src/utils/rateLimiter.ts: a FIFO queue of tasks and a
    single dispatcher that starts one task at a time, at least `minInterval`
    milliseconds after the previous start, and only once the previous task
    has settled.

    `Date.now()` is the field `now`, an abstract monotonic millisecond clock:
    sleeping and awaiting a task advance it, `Elapse` lets time pass between
    calls. A task is known by how long its operation runs and how it settles. */
module Limiter {
  import opened Js

  datatype Task = Task(duration: nat, completion: Result<Json>)

  /** One start of the dispatcher: the task, when it started, when it settled. */
  datatype Dispatch = Dispatch(task: Task, start: int, end: int)

  const NonPositiveRate := JsErr("Error", "requestsPerSecond must be greater than 0")

  /** The interval the constructor derives from `requestsPerSecond`, or the
      error it throws. The source divides in floating point; this model keeps
      the integer part. */
  function MinIntervalFor(requestsPerSecond: int): (r: Result<nat>)
    ensures r.Throw? <==> requestsPerSecond <= 0
    ensures r.Throw? ==> r.thrown == NonPositiveRate
    ensures r.Ok? ==> r.value * requestsPerSecond <= 1000 < (r.value + 1) * requestsPerSecond
  {
    if requestsPerSecond <= 0 then Throw(NonPositiveRate) else Ok(1000 / requestsPerSecond)
  }

  function Tasks(ds: seq<Dispatch>): (ts: seq<Task>)
    ensures |ts| == |ds|
  {
    seq(|ds|, i requires 0 <= i < |ds| => ds[i].task)
  }

  /** The dispatch discipline: each record spans its task's duration, starts
      are `minInterval` apart (the first one measured from the initial
      `lastRequestTime` of 0), and no task starts before its predecessor settled. */
  ghost predicate Spaced(ds: seq<Dispatch>, minInterval: nat) {
    && (forall i :: 0 <= i < |ds| ==> ds[i].end == ds[i].start + ds[i].task.duration)
    && (ds != [] ==> ds[0].start >= minInterval)
    && (forall i :: 0 < i < |ds| ==> ds[i].start >= ds[i - 1].start + minInterval)
    && (forall i :: 0 < i < |ds| ==> ds[i].start >= ds[i - 1].end)
  }

  lemma SpacedExtend(ds: seq<Dispatch>, minInterval: nat, d: Dispatch)
    requires Spaced(ds, minInterval)
    requires d.end == d.start + d.task.duration
    requires ds == [] ==> d.start >= minInterval
    requires ds != [] ==> d.start >= ds[|ds| - 1].start + minInterval && d.start >= ds[|ds| - 1].end
    ensures Spaced(ds + [d], minInterval)
  {
  }

  lemma TasksExtend(ds: seq<Dispatch>, d: Dispatch)
    ensures Tasks(ds + [d]) == Tasks(ds) + [d.task]
  {
  }

  class RateLimiter {
    const minInterval: nat
    var queue: seq<Task>
    var processing: bool
    var lastRequestTime: int
    var now: int
    /** Every task ever added, in order of `add`. */
    ghost var admitted: seq<Task>
    /** Every start the dispatcher made, in order. */
    ghost var dispatched: seq<Dispatch>

    ghost predicate Valid()
      reads this
    {
      && 0 <= lastRequestTime <= now
      && lastRequestTime == (if dispatched == [] then 0 else dispatched[|dispatched| - 1].start)
      && (dispatched != [] ==> dispatched[|dispatched| - 1].end <= now)
      && Spaced(dispatched, minInterval)
      && Tasks(dispatched) + queue == admitted
      && (!processing ==> queue == [])
    }

    /** The constructor for an accepted rate; `NewRateLimiter` covers the throw. */
    constructor (requestsPerSecond: int, clock: nat)
      requires requestsPerSecond > 0
      ensures Valid()
      ensures minInterval == MinIntervalFor(requestsPerSecond).value
      ensures queue == [] && !processing && lastRequestTime == 0 && now == clock
      ensures admitted == [] && dispatched == []
    {
      minInterval := 1000 / requestsPerSecond;
      queue, processing, lastRequestTime, now := [], false, 0, clock;
      admitted, dispatched := [], [];
    }

    /** `add`: push the task at the back and, when no dispatcher is running,
        start one (the synchronous start of `processQueue` sets `processing`). */
    method Add(task: Task) returns (startsDispatcher: bool)
      requires Valid()
      modifies this
      ensures Valid()
      ensures queue == old(queue) + [task] && admitted == old(admitted) + [task]
      ensures startsDispatcher == !old(processing) && processing
      ensures lastRequestTime == old(lastRequestTime) && now == old(now)
      ensures dispatched == old(dispatched)
    {
      queue := queue + [task];
      admitted := admitted + [task];
      startsDispatcher := !processing;
      if startsDispatcher {
        processing := true;
      }
    }

    /** Time passes on the clock without anything happening here. */
    method Elapse(d: nat)
      requires Valid()
      modifies this`now
      ensures Valid() && now == old(now) + d
    {
      now := now + d;
    }

    /** One iteration of the dispatcher's `while` loop: wait out the rest of
        the interval, shift the front task, stamp `lastRequestTime`, run the
        task until it settles and hand its completion to its own caller. */
    method DispatchNext() returns (delivered: Result<Json>)
      requires Valid() && processing && queue != []
      modifies this
      ensures Valid() && processing
      ensures lastRequestTime == (if old(now) - old(lastRequestTime) < minInterval
                                  then old(lastRequestTime) + minInterval else old(now))
      ensures dispatched == old(dispatched)
                            + [Dispatch(old(queue[0]), lastRequestTime, lastRequestTime + old(queue[0]).duration)]
      ensures queue == old(queue[1..]) && admitted == old(admitted)
      ensures now == lastRequestTime + old(queue[0]).duration
      ensures delivered == old(queue[0]).completion
    {
      var elapsed := now - lastRequestTime;
      var clock := now;
      if elapsed < minInterval {
        clock := clock + (minInterval - elapsed);
      }
      var task := queue[0];
      ghost var d := Dispatch(task, clock, clock + task.duration);
      SpacedExtend(dispatched, minInterval, d);
      TasksExtend(dispatched, d);
      assert queue == [task] + queue[1..];
      assert Tasks(dispatched + [d]) + queue[1..] == admitted;
      queue := queue[1..];
      lastRequestTime := clock;
      now := clock + task.duration;
      delivered := task.completion;
      dispatched := dispatched + [d];
    }

    /** `processQueue` after its synchronous start, when no further task is
        added meanwhile: dispatch the whole queue in order, then clear
        `processing`. A task that throws does not stop the loop. */
    method ProcessQueue()
      requires Valid() && processing
      modifies this
      ensures Valid() && !processing && queue == []
      ensures admitted == old(admitted)
      ensures |dispatched| == |old(dispatched)| + |old(queue)|
      ensures dispatched[..|old(dispatched)|] == old(dispatched)
      ensures Tasks(dispatched) == Tasks(old(dispatched)) + old(queue)
    {
      while queue != []
        invariant Valid() && processing
        invariant admitted == old(admitted)
        invariant |dispatched| + |queue| == |old(dispatched)| + |old(queue)|
        invariant dispatched[..|old(dispatched)|] == old(dispatched)
        decreases |queue|
      {
        ghost var before := dispatched;
        var _ := DispatchNext();
        assert dispatched[..|before|] == before;
      }
      processing := false;
    }
  }

  /** The rate limiter's constructor, including the error it throws. */
  method NewRateLimiter(requestsPerSecond: int, clock: nat) returns (r: Result<RateLimiter>)
    ensures r.Throw? <==> requestsPerSecond <= 0
    ensures r.Throw? ==> r.thrown == NonPositiveRate
    ensures r.Ok? ==> fresh(r.value) && r.value.Valid() && r.value.queue == []
                      && r.value.minInterval == MinIntervalFor(requestsPerSecond).value
  {
    if requestsPerSecond <= 0 {
      return Throw(NonPositiveRate);
    }
    var limiter := new RateLimiter(requestsPerSecond, clock);
    r := Ok(limiter);
  }

  // ---------------------------------------------------------------------
  // What the dispatch discipline guarantees

  /** Starts `j - i` positions apart are at least `(j - i) * minInterval`
      milliseconds apart. */
  lemma {:induction false} StartsSpreadOut(ds: seq<Dispatch>, minInterval: nat, i: nat, j: nat)
    requires Spaced(ds, minInterval) && i <= j < |ds|
    ensures ds[j].start - ds[i].start >= (j - i) * minInterval
    decreases j - i
  {
    if i < j {
      StartsSpreadOut(ds, minInterval, i, j - 1);
      assert ds[j].start >= ds[j - 1].start + minInterval;
    }
  }

  /** Two different starts never fall within one interval of each other, so
      at most one task starts in any window of `minInterval` milliseconds. */
  lemma AtMostOneStartPerInterval(ds: seq<Dispatch>, minInterval: nat, i: nat, j: nat)
    requires Spaced(ds, minInterval) && i < j < |ds|
    ensures ds[j].start - ds[i].start >= minInterval
  {
    StartsSpreadOut(ds, minInterval, i, j);
    assert (j - i) * minInterval >= minInterval by {
      assert j - i >= 1;
    }
  }

  /** Later tasks start only after earlier ones settled: never two at once. */
  lemma {:induction false} NoOverlap(ds: seq<Dispatch>, minInterval: nat, i: nat, j: nat)
    requires Spaced(ds, minInterval) && i < j < |ds|
    ensures ds[j].start >= ds[i].end
    decreases j - i
  {
    if i < j - 1 {
      NoOverlap(ds, minInterval, i, j - 1);
      assert ds[j - 1].end >= ds[j - 1].start;
    }
  }

  /** Tasks start in the order they were added. */
  lemma FifoOrder(l: RateLimiter, i: nat)
    requires l.Valid() && i < |l.dispatched|
    ensures l.dispatched[i].task == l.admitted[i]
  {
    assert Tasks(l.dispatched)[i] == l.admitted[i];
  }
}
