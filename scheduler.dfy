/**
 * The delay job runner: a debouncer that keeps at most one requested job,
 * restarts its timer on every request, and runs the job it holds when the
 * timer expires. The timer itself would repeat; it fires only once per
 * request because running the job stops it first.
 *
 * Time is abstracted away: the timer is an `armed` flag plus the interval it
 * was last started with, and expiry is an explicit `Timeout` event that the
 * timer delivers only while it is armed. Jobs, arguments and keyword values
 * are opaque handles; running a job appends it, with its arguments, to a log.
 */
module Scheduler {
  import opened Wrappers

  /** An opaque callable. */
  datatype Callable = Callable(id: nat)

  /**
   * A timer interval in milliseconds: Qt's timers take a non-negative
   * 32-bit signed interval.
   */
  type Delay = d: nat | d <= 0x7FFF_FFFF

  /** An opaque argument value. */
  datatype Value = Value(id: nat)

  /**
   * What the `_job` field holds: the placeholder callable installed by the
   * constructor, `None` after a cancellation, or a requested job.
   */
  datatype JobSlot = Placeholder | Cleared | Stored(job: Callable)

  /** One call of a job, with its positional and keyword arguments. */
  datatype Execution = Execution(job: Callable, args: seq<Value>, kwargs: map<string, Value>)

  /**
   * The runner's fields: the fixed delay, the timer (armed or not, and the
   * interval it was last started with), and the stored job, positional
   * arguments and keyword arguments (`None` once cancelled).
   */
  datatype Runner = Runner(
    delay: Delay,
    armed: bool,
    interval: int,
    job: JobSlot,
    args: Option<seq<Value>>,
    kwargs: Option<map<string, Value>>)

  /** The delay a runner gets when none is given. */
  const DefaultDelay: Delay := 500

  /** A Qt timer that has never been started has interval 0. */
  const InitialInterval: int := 0

  /**
   * The runner's invariant: while the timer is armed it was armed with the
   * runner's delay, and a complete request (job, arguments, keyword
   * arguments) is stored for it.
   */
  ghost predicate Inv(r: Runner) {
    r.armed ==> r.job.Stored? && r.args.Some? && r.kwargs.Some? && r.interval == r.delay
  }

  /** The execution the next timer expiry would perform, if any. */
  function Pending(r: Runner): Option<Execution> {
    if r.armed && r.job.Stored? && r.args.Some? && r.kwargs.Some?
    then Some(Execution(r.job.job, r.args.value, r.kwargs.value))
    else None
  }

  /** `DelayJobRunner(delay)`: nothing is pending, so nothing can run. */
  function Init(delay: Delay): (r: Runner)
    ensures Inv(r) && r.delay == delay
    ensures Pending(r) == None
    ensures r.job == Placeholder && r.args == Some([]) && r.kwargs == Some(map[])
  {
    Runner(delay, false, InitialInterval, Placeholder, Some([]), Some(map[]))
  }

  /** `cancel_requests`: stop the timer and forget the stored request. */
  function Cancel(r: Runner): (c: Runner)
    ensures Inv(c) && c.delay == r.delay
    ensures !c.armed && Pending(c) == None
    ensures c.job == Cleared && c.args == None && c.kwargs == None
  {
    r.(armed := false, job := Cleared, args := None, kwargs := None)
  }

  /**
   * `request_job(job, *args, **kwargs)`: cancel, store the new request and
   * restart the timer with the runner's delay. Whatever was pending before
   * is gone: the only pending execution is the new one.
   */
  function Request(r: Runner, job: Callable, args: seq<Value>, kwargs: map<string, Value>): (q: Runner)
    ensures Inv(q) && q.delay == r.delay
    ensures q.armed && q.interval == r.delay
    ensures Pending(q) == Some(Execution(job, args, kwargs))
  {
    var c := Cancel(r);
    c.(job := Stored(job), args := Some(args), kwargs := Some(kwargs), armed := true, interval := c.delay)
  }

  /**
   * `_exec_requested_job`, run by the timer's expiry (so only while armed):
   * stop the timer, then call the stored job with the stored arguments.
   * The stored request is left in place; only the timer is disarmed.
   */
  function Fire(r: Runner): (res: (Runner, Execution))
    requires Inv(r) && r.armed
    ensures Pending(r) == Some(res.1)
    ensures Inv(res.0) && Pending(res.0) == None
    ensures res.0.delay == r.delay && res.0.interval == r.interval
    ensures res.0.job == r.job && res.0.args == r.args && res.0.kwargs == r.kwargs
  {
    (r.(armed := false), Execution(r.job.job, r.args.value, r.kwargs.value))
  }

  /** What can happen to a runner: a call of one of its methods, or a timer expiry. */
  datatype Event =
    | RequestJob(job: Callable, args: seq<Value>, kwargs: map<string, Value>)
    | CancelRequests
    | Timeout

  /** The execution a request event asks for. */
  function Requested(e: Event): Execution
    requires e.RequestJob?
  {
    Execution(e.job, e.args, e.kwargs)
  }

  /**
   * One event: the new state and the executions it performed. An unarmed
   * timer delivers no expiry, so `Timeout` then changes nothing.
   */
  function Step(r: Runner, e: Event): (res: (Runner, seq<Execution>))
    requires Inv(r)
    ensures Inv(res.0) && res.0.delay == r.delay
    ensures |res.1| <= 1
  {
    match e
    case RequestJob(job, args, kwargs) => (Request(r, job, args, kwargs), [])
    case CancelRequests => (Cancel(r), [])
    case Timeout =>
      if r.armed then
        var (s, x) := Fire(r);
        (s, [x])
      else (r, [])
  }

  /** A sequence of events, in order: the final state and every execution, in order. */
  function Run(r: Runner, events: seq<Event>): (res: (Runner, seq<Execution>))
    requires Inv(r)
    ensures Inv(res.0) && res.0.delay == r.delay
    decreases |events|
  {
    if events == [] then (r, [])
    else
      var (r1, x1) := Step(r, events[0]);
      var (r2, x2) := Run(r1, events[1..]);
      (r2, x1 + x2)
  }

  /** The number of `request_job` calls among the events. */
  function CountRequests(events: seq<Event>): nat {
    if events == [] then 0
    else (if events[0].RequestJob? then 1 else 0) + CountRequests(events[1..])
  }

  /** Running two event sequences one after the other is running their concatenation. */
  lemma {:induction false} RunAppend(r: Runner, a: seq<Event>, b: seq<Event>)
    requires Inv(r)
    ensures Run(r, a + b) == (Run(Run(r, a).0, b).0, Run(r, a).1 + Run(Run(r, a).0, b).1)
    decreases |a|
  {
    if a == [] {
      assert a + b == b;
      assert Run(r, a) == (r, []);
      assert [] + Run(r, b).1 == Run(r, b).1;
    } else {
      assert (a + b)[0] == a[0];
      assert (a + b)[1..] == a[1..] + b;
      var (r1, x1) := Step(r, a[0]);
      RunAppend(r1, a[1..], b);
      var (ra, xa) := Run(r1, a[1..]);
      var (rb, xb) := Run(ra, b);
      assert x1 + (xa + xb) == (x1 + xa) + xb;
    }
  }

  /**
   * A burst of requests with no expiry in between runs nothing and leaves
   * exactly the last request pending, with its own arguments.
   */
  lemma {:induction false} BurstLeavesLastPending(r: Runner, requests: seq<Event>)
    requires Inv(r)
    requires |requests| > 0
    requires forall i :: 0 <= i < |requests| ==> requests[i].RequestJob?
    ensures Run(r, requests).1 == []
    ensures Pending(Run(r, requests).0) == Some(Requested(requests[|requests| - 1]))
    decreases |requests|
  {
    var r1 := Step(r, requests[0]).0;
    if |requests| > 1 {
      BurstLeavesLastPending(r1, requests[1..]);
    }
  }

  /**
   * Debouncing: any burst of requests followed by one timer expiry performs
   * exactly one execution, that of the last request, and leaves nothing
   * pending.
   */
  lemma BurstRunsLastOnce(r: Runner, requests: seq<Event>)
    requires Inv(r)
    requires |requests| > 0
    requires forall i :: 0 <= i < |requests| ==> requests[i].RequestJob?
    ensures Run(r, requests + [Timeout]).1 == [Requested(requests[|requests| - 1])]
    ensures Pending(Run(r, requests + [Timeout]).0) == None
  {
    RunAppend(r, requests, [Timeout]);
    BurstLeavesLastPending(r, requests);
    var s := Run(r, requests).0;
    assert s.armed;
    assert [Timeout][1..] == [];
    assert Run(s, [Timeout]) == (Fire(s).0, [Fire(s).1] + []);
  }

  /**
   * With nothing pending, events that contain no request never execute
   * anything, and nothing becomes pending.
   */
  lemma {:induction false} QuietRunsNothing(r: Runner, events: seq<Event>)
    requires Inv(r) && Pending(r) == None
    requires forall i :: 0 <= i < |events| ==> !events[i].RequestJob?
    ensures Run(r, events).1 == []
    ensures Pending(Run(r, events).0) == None
    decreases |events|
  {
    if events != [] {
      var r1 := Step(r, events[0]).0;
      assert Pending(r1) == None;
      QuietRunsNothing(r1, events[1..]);
    }
  }

  /** A cancelled request never executes, whatever expiries or cancellations follow. */
  lemma CancelledNeverRuns(r: Runner, events: seq<Event>)
    requires Inv(r)
    requires forall i :: 0 <= i < |events| ==> !events[i].RequestJob?
    ensures Run(r, [CancelRequests] + events).1 == []
  {
    assert ([CancelRequests] + events)[1..] == events;
    QuietRunsNothing(Cancel(r), events);
  }

  /** A fresh runner executes nothing before its first request. */
  lemma FreshRunnerIdle(delay: Delay, events: seq<Event>)
    requires forall i :: 0 <= i < |events| ==> !events[i].RequestJob?
    ensures Run(Init(delay), events).1 == []
  {
    QuietRunsNothing(Init(delay), events);
  }

  /** Cancelling twice is the same as cancelling once. */
  lemma CancelTwiceIsCancelOnce(r: Runner)
    requires Inv(r)
    ensures Run(r, [CancelRequests, CancelRequests]) == Run(r, [CancelRequests])
  {
    assert [CancelRequests, CancelRequests][1..] == [CancelRequests];
    assert Cancel(Cancel(r)) == Cancel(r);
  }

  /**
   * Each request leads to at most one execution: the executions so far plus
   * the one still pending never outnumber the requests plus the one pending
   * at the start.
   */
  lemma {:induction false} AtMostOneRunPerRequest(r: Runner, events: seq<Event>)
    requires Inv(r)
    ensures |Run(r, events).1| + (if Run(r, events).0.armed then 1 else 0)
         <= CountRequests(events) + (if r.armed then 1 else 0)
    decreases |events|
  {
    if events != [] {
      AtMostOneRunPerRequest(Step(r, events[0]).0, events[1..]);
    }
  }

  /**
   * The runner object. Its fields are those of `Runner`; `executed` is the
   * log of every job call the timer's expiries have made.
   */
  class DelayJobRunner {
    const delay: Delay
    var armed: bool
    var interval: int
    var job: JobSlot
    var args: Option<seq<Value>>
    var kwargs: Option<map<string, Value>>
    ghost var executed: seq<Execution>

    /** The fields as a `Runner` value. */
    function State(): Runner
      reads this
    {
      Runner(delay, armed, interval, job, args, kwargs)
    }

    ghost predicate Valid()
      reads this
    {
      Inv(State())
    }

    constructor (delay: Delay := DefaultDelay)
      ensures Valid() && State() == Init(delay) && executed == []
    {
      this.delay := delay;
      armed := false;
      interval := InitialInterval;
      args := Some([]);
      kwargs := Some(map[]);
      job := Placeholder;
      executed := [];
    }

    method RequestJob(job: Callable, args: seq<Value>, kwargs: map<string, Value>)
      requires Valid()
      modifies this
      ensures Valid() && State() == Request(old(State()), job, args, kwargs)
      ensures executed == old(executed)
    {
      CancelRequests();
      this.job := Stored(job);
      this.args := Some(args);
      this.kwargs := Some(kwargs);
      armed, interval := true, delay;
    }

    method CancelRequests()
      requires Valid()
      modifies this
      ensures Valid() && State() == Cancel(old(State()))
      ensures executed == old(executed)
    {
      armed := false;
      job := Cleared;
      args := None;
      kwargs := None;
    }

    /** Called by the timer's expiry, which happens only while the timer is armed. */
    method ExecRequestedJob()
      requires Valid() && armed
      modifies this
      ensures Valid() && State() == Fire(old(State())).0
      ensures executed == old(executed) + [Fire(old(State())).1]
    {
      armed := false;
      executed := executed + [Execution(job.job, args.value, kwargs.value)];
    }
  }
}
