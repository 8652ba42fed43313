/** The retry protocol behind every matcher: `Node.synchronize(wait=...)`.

    A retried body is described by what it yields when run at each tick of a
    discrete clock (`attempt(t)`).  Starting at `now`, synchronize runs the body;
    a return or an uncaught exception ends the loop at once; a retriable
    exception is re-raised when the deadline `now + budget` has been reached,
    and otherwise the body runs again one tick later.  A synchronize called
    while another one is running on the same session runs its body exactly once,
    which is how a group of assertions comes to share one budget. */
module Synchronization {
  import opened Outcomes
  import opened Values

  /** How synchronize's timer reads its `wait` argument as a number of retry
      ticks: None means the configured default, a boolean or integer is a number
      of seconds (negative is no time at all).  Anything else cannot be compared
      with elapsed time, so the timer's expiry check raises a TypeError; that
      check is first made after the body has failed once. */
  function Budget(wait: Value, cfg: Config): (b: Outcome<nat>)
    ensures wait.Null? ==> b == Return(cfg.defaultMaxWaitTime)
    ensures wait.Bool? || wait.Int? ==> b.Return? && (b.value == 0 <==> !Truthy(wait) || (wait.Int? && wait.i < 0))
    ensures wait.Int? && wait.i >= 0 ==> b == Return(wait.i)
    ensures b.Raise? <==> wait.Str? || wait.Other?
  {
    match wait
    case Null => Return(cfg.defaultMaxWaitTime)
    case Bool(flag) => Return(if flag then 1 else 0)
    case Int(i) => Return(if i > 0 then i else 0)
    case Str(_) => Raise(Failure("TypeError: wait is not a number"))
    case Other(_, _) => Raise(Failure("TypeError: wait is not a number"))
  }

  function Max(a: int, b: int): int
  {
    if a < b then b else a
  }

  /** The retry loop from tick `t` on, giving up at `deadline`.  Whatever it
      yields is the outcome of one real attempt at or after `t` and no later than
      the deadline: a re-raised error is the last one seen, not a synthetic timeout. */
  function Retry<T>(attempt: Tick -> Outcome<T>, t: Tick, deadline: Tick): (r: Outcome<T>)
    ensures exists j: Tick :: t <= j <= Max(t, deadline) && r == attempt(j)
    decreases deadline - t
  {
    var o := attempt(t);
    if Settled(o) || t >= deadline then o else Retry(attempt, t + 1, deadline)
  }

  /** Every attempt from tick `from` up to, not including, tick `to` raised a
      retriable error. */
  predicate UnsettledBetween<T>(attempt: Tick -> Outcome<T>, from: Tick, to: Tick)
  {
    forall i: Tick :: from <= i < to ==> !Settled(attempt(i))
  }

  /** A run of the loop from tick `t` that ended with the attempt at tick `last`,
      which yielded `r`: every attempt before it raised a retriable error, and
      it either settled or was the one at the deadline. */
  ghost predicate StoppedAt<T>(attempt: Tick -> Outcome<T>, t: Tick, deadline: Tick, last: Tick, r: Outcome<T>)
  {
    t <= last <= deadline && r == attempt(last) && (Settled(r) || last == deadline) &&
    UnsettledBetween(attempt, t, last)
  }

  /** `synchronize(wait)(body)()` called at tick `now`; `nested` is the session's
      "already synchronizing" flag.  With a wait the timer cannot read, the body
      still runs once; its outcome stands if it settles, and otherwise the
      expiry check raises the timer's error. */
  function Synchronized<T>(wait: Value, attempt: Tick -> Outcome<T>, now: Tick, nested: bool, cfg: Config): Outcome<T>
  {
    if nested then attempt(now)
    else match Budget(wait, cfg)
      case Raise(e) => if Settled(attempt(now)) then attempt(now) else Raise(e)
      case Return(n) => Retry(attempt, now, now + n)
  }

  /** Running out of budget: when every attempt up to the deadline raised a
      retriable error, the error of the attempt at the deadline is re-raised. */
  lemma {:induction false} RetryExpires<T>(attempt: Tick -> Outcome<T>, t: Tick, deadline: Tick)
    requires t <= deadline
    requires UnsettledBetween(attempt, t, deadline + 1)
    ensures Retry(attempt, t, deadline) == attempt(deadline)
    ensures Retry(attempt, t, deadline).Raise? && Retriable(Retry(attempt, t, deadline).error)
    decreases deadline - t
  {
    if t < deadline {
      RetryExpires(attempt, t + 1, deadline);
    }
  }

  /** Synchronize returns exactly when some attempt within the budget returns and
      every attempt before it raised a retriable error. */
  lemma {:induction false} RetrySucceedsIff<T>(attempt: Tick -> Outcome<T>, t: Tick, deadline: Tick)
    requires t <= deadline
    ensures Retry(attempt, t, deadline).Return? <==>
            exists j: Tick :: t <= j <= deadline && attempt(j).Return? && UnsettledBetween(attempt, t, j)
    decreases deadline - t
  {
    var o := attempt(t);
    if Settled(o) || t == deadline {
      if o.Return? {
        assert t <= t <= deadline && attempt(t).Return?;
      } else {
        forall j: Tick | t <= j <= deadline && attempt(j).Return?
          ensures exists i: Tick :: t <= i < j && Settled(attempt(i))
        {
          assert t < j;
          assert Settled(attempt(t));
        }
      }
    } else {
      RetrySucceedsIff(attempt, t + 1, deadline);
      if Retry(attempt, t, deadline).Return? {
        var j: Tick :| t + 1 <= j <= deadline && attempt(j).Return? && UnsettledBetween(attempt, t + 1, j);
        assert UnsettledBetween(attempt, t, j);
      } else {
        forall j: Tick | t <= j <= deadline && attempt(j).Return?
          ensures exists i: Tick :: t <= i < j && Settled(attempt(i))
        {
          assert j != t;
          var i: Tick :| t + 1 <= i < j && Settled(attempt(i));
        }
      }
    }
  }

  /** More budget never undoes a success: a loop that returned with one deadline
      returns the same value with any later one. */
  lemma {:induction false} RetryLaterDeadline<T>(attempt: Tick -> Outcome<T>, t: Tick, d1: Tick, d2: Tick)
    requires t <= d1 <= d2
    requires Retry(attempt, t, d1).Return?
    ensures Retry(attempt, t, d2) == Retry(attempt, t, d1)
    decreases d1 - t
  {
    if !Settled(attempt(t)) {
      assert t < d1;
      RetryLaterDeadline(attempt, t + 1, d1, d2);
    }
  }

  /** A loop that stopped at `last` yielded the outcome of that attempt. */
  lemma {:induction false} RetryStopsAt<T>(attempt: Tick -> Outcome<T>, t: Tick, deadline: Tick, last: Tick, r: Outcome<T>)
    requires StoppedAt(attempt, t, deadline, last, r)
    ensures Retry(attempt, t, deadline) == r
    decreases last - t
  {
    if t < last {
      RetryStopsAt(attempt, t + 1, deadline, last, r);
    }
  }

  /** Conversely, every loop stops somewhere: its outcome is that of the
      first attempt that settles, or of the one at the deadline. */
  lemma {:induction false} RetryStopsSomewhere<T>(attempt: Tick -> Outcome<T>, t: Tick, deadline: Tick)
    requires t <= deadline
    ensures exists last: Tick :: StoppedAt(attempt, t, deadline, last, Retry(attempt, t, deadline))
    decreases deadline - t
  {
    if Settled(attempt(t)) || t == deadline {
      assert StoppedAt(attempt, t, deadline, t, Retry(attempt, t, deadline));
    } else {
      RetryStopsSomewhere(attempt, t + 1, deadline);
      var last: Tick :| StoppedAt(attempt, t + 1, deadline, last, Retry(attempt, t + 1, deadline));
      assert StoppedAt(attempt, t, deadline, last, Retry(attempt, t, deadline));
    }
  }

  /** A wait the timer cannot read never stops the first attempt: a settled
      first attempt is the outcome, as with any wait, and only a retriable
      failure reaches the timer and turns into its error. */
  lemma UnreadableWaitRunsOnce<T>(wait: Value, attempt: Tick -> Outcome<T>, now: Tick, cfg: Config)
    requires wait.Str? || wait.Other?
    ensures Settled(attempt(now)) ==> Synchronized(wait, attempt, now, false, cfg) == attempt(now)
    ensures !Settled(attempt(now)) ==> Synchronized(wait, attempt, now, false, cfg) == Raise(Budget(wait, cfg).error)
    ensures Synchronized(wait, attempt, now, false, cfg).Raise? ==> !Retriable(Synchronized(wait, attempt, now, false, cfg).error)
  {
  }

  /** The same for a synchronize that is not nested, whose deadline is `now`
      plus its budget. */
  lemma SynchronizedStopsAt<T>(wait: Value, attempt: Tick -> Outcome<T>, now: Tick, cfg: Config, last: Tick, r: Outcome<T>)
    requires Budget(wait, cfg).Return?
    requires StoppedAt(attempt, now, now + Budget(wait, cfg).value, last, r)
    ensures Synchronized(wait, attempt, now, false, cfg) == r
  {
    RetryStopsAt(attempt, now, now + Budget(wait, cfg).value, last, r);
  }

  /** The body always runs at least once: with no budget (`wait` of 0, False or
      a negative number), synchronize yields the outcome of exactly one attempt, at `now`. */
  lemma ZeroWaitRunsOnce<T>(wait: Value, attempt: Tick -> Outcome<T>, now: Tick, cfg: Config)
    requires Budget(wait, cfg) == Return(0)
    ensures Synchronized(wait, attempt, now, false, cfg) == attempt(now)
  {
  }

  /** How many times a synchronized body may run: at least once; exactly once
      when the call is nested or the wait cannot be read; and with a budget of
      `n` ticks, at most `n + 1` times (once per tick from `now` to the deadline). */
  predicate TriesAllowed(wait: Value, nested: bool, cfg: Config, tries: nat)
  {
    tries >= 1 &&
    (nested || Budget(wait, cfg).Raise? ==> tries == 1) &&
    (Budget(wait, cfg).Return? ==> tries <= Budget(wait, cfg).value + 1)
  }

  /** What a run of synchronize reports about its attempts is within `TriesAllowed`:
      a loop that stops at tick `now + tries - 1` stopped by its deadline. */
  lemma SynchronizedTries<T>(wait: Value, attempt: Tick -> Outcome<T>, now: Tick, nested: bool, cfg: Config, tries: nat, r: Outcome<T>)
    requires tries >= 1
    requires nested || Budget(wait, cfg).Raise? ==> tries == 1
    requires !nested && Budget(wait, cfg).Return? ==>
               StoppedAt(attempt, now, now + Budget(wait, cfg).value, now + tries - 1, r)
    ensures TriesAllowed(wait, nested, cfg, tries)
  {
  }
}
