/** The circuit breaker as a function of its event history. */
module Circuits {
  import opened Common

  datatype State = Closed | Open | HalfOpen

  datatype Event = Asked(at: Nanos) | Succeeded | Failed(at: Nanos)

  datatype Breaker = Breaker(state: State, failures: nat, threshold: nat, cooldown: Nanos, openedAt: Nanos)

  function NewBreaker(threshold: int, cooldown: Nanos): Breaker {
    Breaker(Closed, 0, if threshold < 1 then 1 else threshold, cooldown, 0)
  }

  predicate Refuses(b: Breaker, now: Nanos) {
    b.state == Open && now - b.openedAt < b.cooldown
  }

  function Step(b: Breaker, ev: Event): Breaker {
    match ev
    case Asked(now) => if b.state == Open && !Refuses(b, now) then b.(state := HalfOpen) else b
    case Succeeded => b.(state := Closed, failures := 0)
    case Failed(now) =>
      if b.state == HalfOpen || b.failures + 1 >= b.threshold then
        b.(failures := b.failures + 1, state := Open, openedAt := now)
      else b.(failures := b.failures + 1)
  }

  function Exec(b: Breaker, history: seq<Event>): Breaker {
    if history == [] then b
    else Step(Exec(b, history[..|history| - 1]), history[|history| - 1])
  }

  // ---- What the history says, without the breaker ----

  /** Failures since the last success. */
  function Trailing(history: seq<Event>): nat {
    if history == [] then 0
    else match history[|history| - 1]
      case Asked(_) => Trailing(history[..|history| - 1])
      case Succeeded => 0
      case Failed(_) => Trailing(history[..|history| - 1]) + 1
  }

  /** Instant of the last failure since the last success. */
  function LastFailure(history: seq<Event>): Nanos
    requires Trailing(history) > 0
  {
    match history[|history| - 1]
    case Asked(_) => LastFailure(history[..|history| - 1])
    case Failed(at) => at
  }

  /** Whether a call was let through after the cooldown that followed the last failure. */
  predicate Probed(history: seq<Event>, cooldown: Nanos) {
    Trailing(history) > 0 &&
    match history[|history| - 1]
    case Asked(at) => at - LastFailure(history) >= cooldown || Probed(history[..|history| - 1], cooldown)
    case Failed(_) => false
  }

  function Clock(history: seq<Event>, start: Nanos): Nanos {
    if history == [] then start
    else match history[|history| - 1]
      case Asked(at) => at
      case Succeeded => Clock(history[..|history| - 1], start)
      case Failed(at) => at
  }

  /** The instants of the events never decrease. */
  ghost predicate Ordered(history: seq<Event>, start: Nanos) {
    history != [] ==>
      && Ordered(history[..|history| - 1], start)
      && var last := history[|history| - 1];
         last.Succeeded? || Clock(history[..|history| - 1], start) <= last.at
  }

  lemma {:induction false} NoneFailedLater(history: seq<Event>, start: Nanos)
    requires Ordered(history, start) && Trailing(history) > 0
    ensures LastFailure(history) <= Clock(history, start)
  {
    if history[|history| - 1].Asked? {
      NoneFailedLater(history[..|history| - 1], start);
    }
  }

  lemma {:induction false} ProbesStay(history: seq<Event>, start: Nanos, cooldown: Nanos)
    requires Ordered(history, start) && Probed(history, cooldown)
    ensures Clock(history, start) - LastFailure(history) >= cooldown
  {
    if history[|history| - 1].at - LastFailure(history) < cooldown {
      ProbesStay(history[..|history| - 1], start, cooldown);
    }
  }

  /** Over any history: the counter is the number of failures since the last success, the
      breaker is closed exactly while that is below the threshold, half open exactly when a
      call has been let through since, and remembers the last failure. */
  lemma {:induction false} HistoryDetermines(threshold: int, cooldown: Nanos, history: seq<Event>)
    ensures var b := Exec(NewBreaker(threshold, cooldown), history);
            && b.failures == Trailing(history)
            && b.threshold == (if threshold < 1 then 1 else threshold) && b.cooldown == cooldown
            && (b.state == Closed <==> b.failures < b.threshold)
            && (b.state == HalfOpen <==> b.failures >= b.threshold && Probed(history, cooldown))
            && (b.failures >= b.threshold ==> b.openedAt == LastFailure(history))
  {
    if history != [] {
      HistoryDetermines(threshold, cooldown, history[..|history| - 1]);
    }
  }

  /** With a clock that never runs backwards, a call is refused exactly when the failures
      since the last success reach the threshold and the last of them is less than the
      cooldown ago. */
  lemma RefusesExactly(threshold: int, cooldown: Nanos, history: seq<Event>, start: Nanos, now: Nanos)
    requires Ordered(history, start) && Clock(history, start) <= now
    ensures Refuses(Exec(NewBreaker(threshold, cooldown), history), now)
       <==> && Trailing(history) >= (if threshold < 1 then 1 else threshold)
            && now - LastFailure(history) < cooldown
  {
    HistoryDetermines(threshold, cooldown, history);
    if Probed(history, cooldown) {
      ProbesStay(history, start, cooldown);
    }
  }

  class CircuitBreaker {
    var state: State
    var failures: nat
    const threshold: nat
    const cooldown: Nanos
    var openedAt: Nanos

    ghost const start: Nanos
    ghost var history: seq<Event>

    ghost predicate Valid()
      reads this
    {
      && threshold >= 1
      && Ordered(history, start)
      && Breaker(state, failures, threshold, cooldown, openedAt) == Exec(NewBreaker(threshold, cooldown), history)
    }

    constructor (limit: int, cooldown: Nanos, ghost start: Nanos)
      ensures Valid() && history == [] && this.start == start && this.cooldown == cooldown
      ensures threshold == if limit < 1 then 1 else limit
    {
      this.state, this.failures, this.openedAt := Closed, 0, 0;
      this.threshold := if limit < 1 then 1 else limit;
      this.cooldown := cooldown;
      this.start, this.history := start, [];
    }

    method Allow(now: Nanos) returns (allowed: bool)
      requires Valid() && Clock(history, start) <= now
      modifies this
      ensures Valid() && history == old(history) + [Asked(now)]
      ensures !allowed <==> Trailing(old(history)) >= threshold && now - LastFailure(old(history)) < cooldown
    {
      RefusesExactly(threshold, cooldown, history, start, now);
      Recorded(Asked(now));
      history := history + [Asked(now)];
      if state == Open {
        if now - openedAt < cooldown { return false; }
        state := HalfOpen;
      }
      return true;
    }

    method Success()
      requires Valid()
      modifies this
      ensures Valid() && history == old(history) + [Succeeded]
      ensures state == Closed
    {
      Recorded(Succeeded);
      history := history + [Succeeded];
      state := Closed;
      failures := 0;
    }

    method Failure(now: Nanos)
      requires Valid() && Clock(history, start) <= now
      modifies this
      ensures Valid() && history == old(history) + [Failed(now)]
      ensures state == Open <==> Trailing(history) >= threshold
    {
      Recorded(Failed(now));
      HistoryDetermines(threshold, cooldown, history);
      HistoryDetermines(threshold, cooldown, history + [Failed(now)]);
      history := history + [Failed(now)];
      failures := failures + 1;
      if state == HalfOpen || failures >= threshold {
        state := Open;
        openedAt := now;
      }
    }

    lemma Recorded(ev: Event)
      requires Valid() && (ev.Succeeded? || Clock(history, start) <= ev.at)
      ensures Ordered(history + [ev], start)
      ensures Exec(NewBreaker(threshold, cooldown), history + [ev])
           == Step(Breaker(state, failures, threshold, cooldown, openedAt), ev)
    {
      assert (history + [ev])[..|history|] == history;
    }
  }
}
